/** The three-step booking wizard of frontend/src/pages/BookingPage.js:
    step 1 picks the experience, date, time and number of participants,
    step 2 takes the customer's details, step 3 the payment method, card
    details and terms. Each step validates its own fields before the wizard
    moves on; the last step hands the form to the payment page. The fetched
    experience list is an input. */
module BookingPage {
  import opened Wrappers
  import opened Text
  import opened Catalog

  /** The wizard's `formData`; an empty string is an unfilled field. */
  datatype WizardForm = WizardForm(
    experience: string,
    date: string,
    time: string,
    participants: int,
    firstName: string,
    lastName: string,
    email: string,
    phone: string,
    specialRequests: string,
    paymentMethod: string,
    cardName: string,
    cardNumber: string,
    expiryDate: string,
    cvv: string)

  /** The form the page starts with; `experienceId` comes from the query
      string. */
  function InitialForm(experienceId: Option<string>): (f: WizardForm)
    ensures f.participants == 1 && f.paymentMethod == "creditCard"
    ensures f.experience == experienceId.GetOr("")
    ensures f.date == "" && f.time == ""
    ensures f.firstName == "" && f.lastName == "" && f.email == "" && f.phone == "" && f.specialRequests == ""
    ensures f.cardName == "" && f.cardNumber == "" && f.expiryDate == "" && f.cvv == ""
  {
    WizardForm(experienceId.GetOr(""), "", "", 1, "", "", "", "", "", "creditCard", "", "", "", "")
  }

  /** `/^[0-9\s]{13,19}$/`: 13 to 19 characters, each a digit or blank. */
  predicate CardNumberOk(s: string)
  {
    13 <= |s| <= 19 && forall i | 0 <= i < |s| :: IsDigit(s[i]) || IsSpace(s[i])
  }

  /** `/^(0[1-9]|1[0-2])\/\d{2}$/`: a month 01 to 12, a slash, two digits. */
  predicate ExpiryOk(s: string)
  {
    && |s| == 5
    && ((s[0] == '0' && '1' <= s[1] <= '9') || (s[0] == '1' && '0' <= s[1] <= '2'))
    && s[2] == '/' && IsDigit(s[3]) && IsDigit(s[4])
  }

  /** `/^\d{3,4}$/`: three or four digits. */
  predicate CvvOk(s: string)
  {
    3 <= |s| <= 4 && AllDigits(s)
  }

  /** The month an accepted expiry names is between 1 and 12. */
  lemma ExpiryMonthInRange(s: string)
    requires ExpiryOk(s)
    ensures 1 <= (s[0] as int - '0' as int) * 10 + (s[1] as int - '0' as int) <= 12
  {
  }

  const PaymentCreditCard := "creditCard"

  /** The messages `validateStep` can give; `MessageText` is the wording
      shown under the field. */
  datatype Message =
    | SelectExperience
    | SelectDate
    | SelectTime
    | EnterFirstName
    | EnterLastName
    | EnterEmail
    | InvalidEmail
    | EnterPhone
    | EnterCardName
    | EnterCardNumber
    | InvalidCardNumber
    | EnterExpiry
    | InvalidExpiry
    | EnterCvv
    | InvalidCvv
    | AcceptTerms

  function MessageText(m: Message): string
  {
    match m
    case SelectExperience => "Please select an experience"
    case SelectDate => "Please select a date"
    case SelectTime => "Please select a time"
    case EnterFirstName => "Please enter your first name"
    case EnterLastName => "Please enter your last name"
    case EnterEmail => "Please enter your email"
    case InvalidEmail => "Please enter a valid email"
    case EnterPhone => "Please enter your phone number"
    case EnterCardName => "Please enter name on card"
    case EnterCardNumber => "Please enter your card number"
    case InvalidCardNumber => "Please enter a valid card number"
    case EnterExpiry => "Please enter expiry date"
    case InvalidExpiry => "Please enter a valid expiry date (MM/YY)"
    case EnterCvv => "Please enter CVV"
    case InvalidCvv => "Please enter a valid CVV"
    case AcceptTerms => "Please accept terms and conditions"
  }

  /** The error object `validateStep` fills: one optional message per
      field it may complain about. */
  datatype Errors = Errors(
    experience: Option<Message>,
    date: Option<Message>,
    time: Option<Message>,
    firstName: Option<Message>,
    lastName: Option<Message>,
    email: Option<Message>,
    phone: Option<Message>,
    cardName: Option<Message>,
    cardNumber: Option<Message>,
    expiryDate: Option<Message>,
    cvv: Option<Message>,
    terms: Option<Message>)

  /** `{}`: no field has a message. */
  const NoErrors := Errors(None, None, None, None, None, None, None, None, None, None, None, None)

  /** The errors of step 1: each missing field gets its message. */
  function Step1Errors(f: WizardForm): Errors
  {
    var e0 := NoErrors;
    var e1 := if f.experience == "" then e0.(experience := Some(SelectExperience)) else e0;
    var e2 := if f.date == "" then e1.(date := Some(SelectDate)) else e1;
    if f.time == "" then e2.(time := Some(SelectTime)) else e2
  }

  /** The errors of step 2; a present e-mail is also checked for shape. */
  function Step2Errors(f: WizardForm): Errors
  {
    var e0 := NoErrors;
    var e1 := if f.firstName == "" then e0.(firstName := Some(EnterFirstName)) else e0;
    var e2 := if f.lastName == "" then e1.(lastName := Some(EnterLastName)) else e1;
    var e3 :=
      if f.email == "" then e2.(email := Some(EnterEmail))
      else if !IsEmailLike(f.email) then e2.(email := Some(InvalidEmail))
      else e2;
    if f.phone == "" then e3.(phone := Some(EnterPhone)) else e3
  }

  /** The errors of step 3: card fields only for a credit card, the terms
      for every payment method. */
  function Step3Errors(f: WizardForm, terms: bool): Errors
  {
    var e0 := NoErrors;
    var e1 := if f.paymentMethod == PaymentCreditCard then CardErrors(f) else e0;
    if !terms then e1.(terms := Some(AcceptTerms)) else e1
  }

  function CardErrors(f: WizardForm): Errors
  {
    var e0 := NoErrors;
    var e1 := if f.cardName == "" then e0.(cardName := Some(EnterCardName)) else e0;
    var e2 :=
      if f.cardNumber == "" then e1.(cardNumber := Some(EnterCardNumber))
      else if !CardNumberOk(f.cardNumber) then e1.(cardNumber := Some(InvalidCardNumber))
      else e1;
    var e3 :=
      if f.expiryDate == "" then e2.(expiryDate := Some(EnterExpiry))
      else if !ExpiryOk(f.expiryDate) then e2.(expiryDate := Some(InvalidExpiry))
      else e2;
    if f.cvv == "" then e3.(cvv := Some(EnterCvv))
    else if !CvvOk(f.cvv) then e3.(cvv := Some(InvalidCvv))
    else e3
  }

  /** The error object `validateStep` builds for a step; any other step has no
      checks. */
  function StepErrors(step: int, f: WizardForm, terms: bool): Errors
  {
    if step == 1 then Step1Errors(f)
    else if step == 2 then Step2Errors(f)
    else if step == 3 then Step3Errors(f, terms)
    else NoErrors
  }

  /** Step 1 reports exactly the missing experience, date and time. */
  lemma Step1Exactly(f: WizardForm, terms: bool)
    ensures var e := StepErrors(1, f, terms);
      && (e.experience.Some? <==> f.experience == "")
      && (e.date.Some? <==> f.date == "")
      && (e.time.Some? <==> f.time == "")
      && e == NoErrors.(experience := e.experience, date := e.date, time := e.time)
  {
  }

  /** Step 2: an empty e-mail is "missing", a non-empty one that fails the
      shape test is "invalid", and the names and phone must be non-empty. */
  lemma Step2Exactly(f: WizardForm, terms: bool)
    ensures var e := StepErrors(2, f, terms);
      && (f.email == "" ==> e.email.Some? && e.email.value == EnterEmail)
      && (f.email != "" && !IsEmailLike(f.email) ==>
            e.email.Some? && e.email.value == InvalidEmail)
      && (e.email.Some? <==> f.email == "" || !IsEmailLike(f.email))
      && (e.firstName.Some? <==> f.firstName == "")
      && (e.lastName.Some? <==> f.lastName == "")
      && (e.phone.Some? <==> f.phone == "")
      && e == NoErrors.(firstName := e.firstName, lastName := e.lastName, email := e.email, phone := e.phone)
  {
  }

  /** Step 3 requires the terms for every payment method, and checks
      nothing else unless paying by credit card. */
  lemma Step3Terms(f: WizardForm, terms: bool)
    ensures var e := StepErrors(3, f, terms);
      && (e.terms.Some? <==> !terms)
      && (f.paymentMethod != PaymentCreditCard ==> e == NoErrors.(terms := e.terms))
  {
  }

  /** Paying by credit card, step 3 checks each card field against its
      pattern. */
  lemma Step3Card(f: WizardForm, terms: bool)
    requires f.paymentMethod == PaymentCreditCard
    ensures var e := StepErrors(3, f, terms);
      && (e.cardName.Some? <==> f.cardName == "")
      && (e.cardNumber.Some? <==> !CardNumberOk(f.cardNumber))
      && (e.expiryDate.Some? <==> !ExpiryOk(f.expiryDate))
      && (e.cvv.Some? <==> !CvvOk(f.cvv))
  {
    var c := CardErrors(f);
    assert c.cardName.Some? <==> f.cardName == "";
    assert c.cardNumber.Some? <==> !CardNumberOk(f.cardNumber);
    assert c.expiryDate.Some? <==> !ExpiryOk(f.expiryDate);
    assert c.cvv.Some? <==> !CvvOk(f.cvv);
  }

  /** A step outside 1..3 has no checks at all. */
  lemma OtherStepsUnchecked(step: int, f: WizardForm, terms: bool)
    requires step < 1 || step > 3
    ensures StepErrors(step, f, terms) == NoErrors
  {
  }

  /** `price || pricePerPerson` of the first fetched experience, or 0 when
      none was fetched; `None` stands for the `undefined` both missing
      prices give. */
  function ExperiencePrice(experiences: seq<Experience>): (p: Option<int>)
    ensures experiences == [] ==> p == Some(0)
    ensures experiences != [] && TruthyNumber(experiences[0].price) ==> p == experiences[0].price
    ensures experiences != [] && !TruthyNumber(experiences[0].price) ==> p == experiences[0].pricePerPerson
  {
    if experiences == [] then Some(0)
    else OrNumber(experiences[0].price, experiences[0].pricePerPerson)
  }

  /** `experiencePrice * participants`; `NaN` (`None`) when the price is
      missing. */
  function TotalPrice(experiences: seq<Experience>, participants: int): (t: Option<int>)
    ensures t.None? <==> ExperiencePrice(experiences).None?
    ensures t.Some? ==> t.value == ExperiencePrice(experiences).value * participants
  {
    match ExperiencePrice(experiences)
    case None => None
    case Some(p) => Some(p * participants)
  }

  /** The total shown on the payment step: the price plus the 10 service
      fee. */
  function DisplayedTotal(experiences: seq<Experience>, participants: int): (t: Option<int>)
    ensures t.None? <==> TotalPrice(experiences, participants).None?
    ensures t.Some? ==> t.value == TotalPrice(experiences, participants).value + 10
  {
    match TotalPrice(experiences, participants)
    case None => None
    case Some(p) => Some(p + 10)
  }

  /** Without a fetched experience everything is free except the fee. */
  lemma NoExperienceOnlyFee(participants: int)
    ensures TotalPrice([], participants) == Some(0)
    ensures DisplayedTotal([], participants) == Some(10)
  {
  }

  /** One more participant costs one more experience price. */
  lemma TotalPriceStep(experiences: seq<Experience>, participants: int)
    requires ExperiencePrice(experiences).Some?
    ensures TotalPrice(experiences, participants + 1).value
         == TotalPrice(experiences, participants).value + ExperiencePrice(experiences).value
  {
  }

  /** The minus button: never below one. */
  function FewerParticipants(p: int): (r: int)
    ensures r >= 1
    ensures p > 1 ==> r == p - 1
    ensures p <= 1 ==> r == 1
  {
    if p - 1 > 1 then p - 1 else 1
  }

  /** The plus button: one more, with no upper bound. */
  function MoreParticipants(p: int): (r: int)
    ensures r > p && r == p + 1
  {
    p + 1
  }

  /** Adding one participant and removing one again restores any count of
      at least one. */
  lemma MoreThenFewer(p: int)
    requires p >= 1
    ensures FewerParticipants(MoreParticipants(p)) == p
  {
  }

  /** The page's state. */
  class BookingWizard {
    var step: int
    var form: WizardForm
    var errors: Errors
    var termsAccepted: bool
    var experiences: seq<Experience>

    /** The step is one of the three, and there is at least one
        participant. */
    ghost predicate Valid()
      reads this
    {
      1 <= step <= 3 && form.participants >= 1
    }

    constructor (experienceId: Option<string>, fetched: seq<Experience>)
      ensures Valid()
      ensures step == 1 && form == InitialForm(experienceId) && errors == NoErrors
      ensures !termsAccepted && experiences == fetched
    {
      step := 1;
      form := InitialForm(experienceId);
      errors := NoErrors;
      termsAccepted := false;
      experiences := fetched;
    }

    /** `validateStep`: build the new error map field by field, replace the
        old one wholesale, and report whether it is empty. */
    method ValidateStep() returns (ok: bool)
      modifies this
      ensures errors == StepErrors(step, form, termsAccepted)
      ensures ok <==> errors == NoErrors
      ensures step == old(step) && form == old(form)
      ensures termsAccepted == old(termsAccepted) && experiences == old(experiences)
    {
      var f, st, terms := form, step, termsAccepted;
      var newErrors: Errors := NoErrors;
      if st == 1 {
        if f.experience == "" { newErrors := newErrors.(experience := Some(SelectExperience)); }
        if f.date == "" { newErrors := newErrors.(date := Some(SelectDate)); }
        if f.time == "" { newErrors := newErrors.(time := Some(SelectTime)); }
        assert newErrors == Step1Errors(f);
      } else if st == 2 {
        if f.firstName == "" { newErrors := newErrors.(firstName := Some(EnterFirstName)); }
        if f.lastName == "" { newErrors := newErrors.(lastName := Some(EnterLastName)); }
        if f.email == "" {
          newErrors := newErrors.(email := Some(EnterEmail));
        } else if !IsEmailLike(f.email) {
          newErrors := newErrors.(email := Some(InvalidEmail));
        }
        if f.phone == "" { newErrors := newErrors.(phone := Some(EnterPhone)); }
        assert newErrors == Step2Errors(f);
      } else if st == 3 {
        if f.paymentMethod == PaymentCreditCard {
          if f.cardName == "" { newErrors := newErrors.(cardName := Some(EnterCardName)); }
          if f.cardNumber == "" {
            newErrors := newErrors.(cardNumber := Some(EnterCardNumber));
          } else if !CardNumberOk(f.cardNumber) {
            newErrors := newErrors.(cardNumber := Some(InvalidCardNumber));
          }
          if f.expiryDate == "" {
            newErrors := newErrors.(expiryDate := Some(EnterExpiry));
          } else if !ExpiryOk(f.expiryDate) {
            newErrors := newErrors.(expiryDate := Some(InvalidExpiry));
          }
          if f.cvv == "" {
            newErrors := newErrors.(cvv := Some(EnterCvv));
          } else if !CvvOk(f.cvv) {
            newErrors := newErrors.(cvv := Some(InvalidCvv));
          }
          assert newErrors == CardErrors(f);
        }
        if !terms { newErrors := newErrors.(terms := Some(AcceptTerms)); }
        assert newErrors == Step3Errors(f, terms);
      }
      assert newErrors == StepErrors(st, form, terms);
      errors := newErrors;
      ok := newErrors == NoErrors;
    }

    /** `handleNextStep`: validate, then advance when valid and not on the
        last step. */
    method NextStep()
      requires Valid()
      modifies this
      ensures Valid()
      ensures errors == StepErrors(old(step), old(form), old(termsAccepted))
      ensures step == if errors == NoErrors && old(step) < 3 then old(step) + 1 else old(step)
      ensures form == old(form) && termsAccepted == old(termsAccepted)
    {
      var ok := ValidateStep();
      if ok && step < 3 {
        step := step + 1;
      }
    }

    /** `handlePrevStep`: go back unless on the first step; nothing is
        validated. */
    method PrevStep()
      requires Valid()
      modifies this
      ensures Valid()
      ensures step == if old(step) > 1 then old(step) - 1 else old(step)
      ensures form == old(form) && errors == old(errors) && termsAccepted == old(termsAccepted)
    {
      if step > 1 {
        step := step - 1;
      }
    }

    /** `handleSubmit`: validate the current step and, only when it passes,
        hand the whole form to the payment page. */
    method Submit() returns (navigateWith: Option<WizardForm>)
      requires Valid()
      modifies this
      ensures Valid()
      ensures errors == StepErrors(old(step), old(form), old(termsAccepted))
      ensures navigateWith.Some? <==> errors == NoErrors
      ensures navigateWith.Some? ==> navigateWith.value == form
      ensures step == old(step) && form == old(form)
    {
      var ok := ValidateStep();
      if ok {
        navigateWith := Some(form);
      } else {
        navigateWith := None;
      }
    }

    /** The minus button. */
    method DecrementParticipants()
      requires Valid()
      modifies this
      ensures Valid()
      ensures form == old(form).(participants := FewerParticipants(old(form).participants))
      ensures step == old(step) && errors == old(errors)
    {
      form := form.(participants := FewerParticipants(form.participants));
    }

    /** The plus button. */
    method IncrementParticipants()
      requires Valid()
      modifies this
      ensures Valid()
      ensures form == old(form).(participants := MoreParticipants(old(form).participants))
      ensures step == old(step) && errors == old(errors)
    {
      form := form.(participants := MoreParticipants(form.participants));
    }

    /** The terms checkbox flips the acceptance. */
    method ToggleTerms()
      requires Valid()
      modifies this
      ensures Valid()
      ensures termsAccepted == !old(termsAccepted)
      ensures step == old(step) && form == old(form) && errors == old(errors)
    {
      termsAccepted := !termsAccepted;
    }
  }

  /** On the last step the wizard never hands over a booking whose terms
      were not accepted, whatever the payment method. */
  lemma SubmitNeedsTerms(f: WizardForm)
    ensures StepErrors(3, f, false) != NoErrors
  {
    assert StepErrors(3, f, false).terms.Some?;
  }

  /** Paying by PayPal or bank transfer with the terms accepted passes the
      last step whatever the card fields hold. */
  lemma NonCardPassesWithTerms(f: WizardForm)
    requires f.paymentMethod != PaymentCreditCard
    ensures StepErrors(3, f, true) == NoErrors
  {
  }
}
