/** The payment page of frontend/src/pages/PaymentPage.js: the card-number
    and expiry-date formatters applied as the customer types, the order
    subtotal, the card-details object the inputs edit, and the simulated
    payment (processing, then complete, after a timer that is an input
    here). */
module PaymentPage {
  import opened Wrappers
  import opened Text
  import opened Catalog
  import BookingPage

  // ----------------------------------------------------------- card number

  /** The digit run `formatCardNumber` keeps: blanks and non-digits removed,
      then the first match of `/\d{4,16}/g`, which on a string of digits is
      its first sixteen digits when there are at least four, and nothing
      otherwise. */
  function CardDigits(value: string): (m: string)
    ensures AllDigits(m) && |m| <= 16
    ensures m == [] <==> |KeepDigits(StripSpaces(value))| < 4
    ensures m != [] ==> |m| == Min(|KeepDigits(StripSpaces(value))|, 16)
    ensures m != [] ==> m == KeepDigits(StripSpaces(value))[..|m|]
  {
    var v := KeepDigits(StripSpaces(value));
    if |v| < 4 then "" else v[..Min(|v|, 16)]
  }

  function Min(a: int, b: int): int
  {
    if a <= b then a else b
  }

  /** The groups of four the loop cuts, the last one possibly shorter. */
  function Chunks(s: string): (r: seq<string>)
    ensures s == [] <==> r == []
  {
    if s == [] then []
    else if |s| <= 4 then [s]
    else [s[..4]] + Chunks(s[4..])
  }

  /** What `formatCardNumber` returns: the groups joined by single blanks,
      or the input unchanged when fewer than four digits remain. */
  function CardFormatted(value: string): string
  {
    var m := CardDigits(value);
    if m == [] then value else Join(Chunks(m), " ")
  }

  /** One step of the loop: the groups from position `i` on are the one at
      `i` followed by the groups after it. */
  lemma ChunksFrom(m: string, i: nat)
    requires i < |m|
    ensures Chunks(m[i..]) == [m[i..Min(i + 4, |m|)]] + Chunks(m[Min(i + 4, |m|)..])
  {
    var s := m[i..];
    if |s| > 4 {
      assert s[..4] == m[i..i + 4];
      assert s[4..] == m[i + 4..];
    } else {
      assert Min(i + 4, |m|) == |m| && m[i..|m|] == s;
      assert m[|m|..] == [];
      assert Chunks(s) == [s];
    }
  }

  /** `formatCardNumber`: filter, take the first digit run, push its groups
      of four in a loop, and join them, or give the input back when there
      are no groups. */
  method FormatCardNumber(value: string) returns (r: string)
    ensures r == CardFormatted(value)
  {
    var run := CardDigits(value);
    var parts: seq<string> := [];
    var i := 0;
    var len := |run|;
    while i < len
      invariant i % 4 == 0 && (i <= len || i - 4 < len)
      invariant parts + Chunks(run[Min(i, len)..]) == Chunks(run)
      decreases len - i
    {
      ChunksFrom(run, i);
      parts := parts + [run[i..Min(i + 4, len)]];
      i := i + 4;
    }
    assert run[Min(i, len)..] == [];
    assert parts + [] == parts;
    assert parts == Chunks(run);
    if |parts| > 0 {
      r := Join(parts, " ");
    } else {
      r := value;
    }
  }

  /** Every group has four digits except possibly the last, which has one
      to four. */
  lemma {:induction false} ChunksShape(s: string)
    ensures forall i | 0 <= i < |Chunks(s)| :: 1 <= |Chunks(s)[i]| <= 4
    ensures forall i | 0 <= i < |Chunks(s)| - 1 :: |Chunks(s)[i]| == 4
    ensures forall i | 0 <= i < |Chunks(s)| :: forall c | c in Chunks(s)[i] :: c in s
    ensures Concat(Chunks(s)) == s
  {
    if |s| > 4 {
      ChunksShape(s[4..]);
      var r := Chunks(s[4..]);
      assert Chunks(s) == [s[..4]] + r;
      assert Concat(Chunks(s)) == s[..4] + Concat(r);
      assert s == s[..4] + s[4..];
      forall i | 0 <= i < |Chunks(s)| ensures forall c | c in Chunks(s)[i] :: c in s {
        if i > 0 {
          assert Chunks(s)[i] == r[i - 1];
        }
      }
    } else if s != [] {
      assert Chunks(s) == [s];
    }
  }

  /** With four or more digits the result is the first (at most sixteen)
      digits in groups of four separated by single blanks; with fewer the
      input comes back unchanged. */
  lemma CardFormattedShape(value: string)
    ensures |KeepDigits(StripSpaces(value))| < 4 ==> CardFormatted(value) == value
    ensures |KeepDigits(StripSpaces(value))| >= 4 ==>
      var m := CardDigits(value);
      && Split(CardFormatted(value), ' ') == Chunks(m)
      && StripSpaces(CardFormatted(value)) == m
      && m == KeepDigits(StripSpaces(value))[..Min(|KeepDigits(StripSpaces(value))|, 16)]
  {
    var m := CardDigits(value);
    if m != [] {
      var parts := Chunks(m);
      ChunksShape(m);
      forall i | 0 <= i < |parts| ensures ' ' !in parts[i] && AllDigits(parts[i]) {
        forall k | 0 <= k < |parts[i]| ensures IsDigit(parts[i][k]) {
          assert parts[i][k] in m;
        }
      }
      SplitJoin(parts, ' ');
      StripJoinedDigits(parts);
    }
  }

  /** Formatting what is already formatted changes nothing, because blanks
      are removed before the digits are regrouped. */
  lemma CardFormattedIdempotent(value: string)
    ensures CardFormatted(CardFormatted(value)) == CardFormatted(value)
  {
    var m := CardDigits(value);
    if m != [] {
      var r := CardFormatted(value);
      CardFormattedShape(value);
      var parts := Chunks(m);
      ChunksShape(m);
      forall i | 0 <= i < |parts| ensures AllDigits(parts[i]) {
        forall k | 0 <= k < |parts[i]| ensures IsDigit(parts[i][k]) {
          assert parts[i][k] in m;
        }
      }
      StripJoinedDigits(parts);
      DigitsSurviveFilters(m);
      assert KeepDigits(StripSpaces(r)) == m;
      assert CardDigits(r) == m[..|m|] == m;
    }
  }

  // ----------------------------------------------------------- expiry date

  /** `handleExpiryDateChange`'s value: digits only, and from two digits on
      the first two, a slash and at most the next two. */
  function FormatExpiry(value: string): (r: string)
    ensures |r| <= 5
    ensures var v := KeepDigits(StripSpaces(value));
      && (|v| < 2 ==> r == v)
      && (|v| >= 2 ==> r == v[..2] + "/" + v[2..Min(|v|, 4)])
  {
    var v := KeepDigits(StripSpaces(value));
    if |v| >= 2 then v[..2] + "/" + v[2..Min(|v|, 4)] else v
  }

  /** The filters drop the slash of a formatted expiry and nothing else. */
  lemma FiltersDropSlash(a: string, b: string)
    requires AllDigits(a) && AllDigits(b)
    ensures KeepDigits(StripSpaces(a + "/" + b)) == a + b
  {
    assert a + "/" + b == a + ("/" + b);
    assert StripSpaces("/") == "/" && KeepDigits("/") == "";
    StripSpacesConcat(a, "/" + b);
    StripSpacesConcat("/", b);
    DigitsSurviveFilters(a);
    DigitsSurviveFilters(b);
    KeepDigitsConcat(a, "/" + b);
    KeepDigitsConcat("/", b);
  }

  /** Typing over a formatted expiry keeps it as it is. */
  lemma FormatExpiryIdempotent(value: string)
    ensures FormatExpiry(FormatExpiry(value)) == FormatExpiry(value)
  {
    var v := KeepDigits(StripSpaces(value));
    if |v| >= 2 {
      var a := v[..2];
      var b := v[2..Min(|v|, 4)];
      assert AllDigits(a) && AllDigits(b);
      FiltersDropSlash(a, b);
      assert (a + b)[..2] == a && (a + b)[2..Min(|a + b|, 4)] == b;
    } else {
      DigitsSurviveFilters(v);
    }
  }

  /** Four typed digits starting with a valid month come out in the form
      the booking wizard's MM/YY check accepts. */
  lemma FormatExpiryMeetsWizardCheck(d: string)
    requires |d| == 4 && AllDigits(d)
    requires (d[0] == '0' && d[1] != '0') || (d[0] == '1' && d[1] <= '2')
    ensures BookingPage.ExpiryOk(FormatExpiry(d))
  {
    DigitsSurviveFilters(d);
  }

  // --------------------------------------------------------------- subtotal

  /** `bookingData.experience` as the page may receive it: an experience
      object, a bare id string (as the booking wizard sends it), or
      nothing. */
  datatype ExperienceRef = ExperienceObject(e: Experience) | IdString(id: string) | Absent

  /** `experience?.price || experience?.pricePerPerson || 0`; a string has
      neither property. */
  function PriceOf(x: ExperienceRef): (p: int)
    ensures x.ExperienceObject? && TruthyNumber(x.e.price) ==> p == x.e.price.value
    ensures x.ExperienceObject? && !TruthyNumber(x.e.price) && TruthyNumber(x.e.pricePerPerson) ==>
              p == x.e.pricePerPerson.value
    ensures x.ExperienceObject? && !TruthyNumber(x.e.price) && !TruthyNumber(x.e.pricePerPerson) ==> p == 0
    ensures !x.ExperienceObject? ==> p == 0
  {
    match x
    case ExperienceObject(e) => OrNumber(OrNumber(e.price, e.pricePerPerson), Some(0)).GetOr(0)
    case _ => 0
  }

  /** `participants || 1`. */
  function ParticipantsOf(p: Option<int>): (n: int)
    ensures TruthyNumber(p) ==> n == p.value
    ensures !TruthyNumber(p) ==> n == 1
  {
    if TruthyNumber(p) then p.value else 1
  }

  function Subtotal(x: ExperienceRef, participants: Option<int>): (s: int)
    ensures s == PriceOf(x) * ParticipantsOf(participants)
  {
    PriceOf(x) * ParticipantsOf(participants)
  }

  /** A missing participant count, or 0, is charged as one participant. */
  lemma MissingParticipantsChargeOne(x: ExperienceRef)
    ensures Subtotal(x, None) == PriceOf(x)
    ensures Subtotal(x, Some(0)) == PriceOf(x)
    ensures Subtotal(x, Some(1)) == PriceOf(x)
  {
  }

  /** Each further participant adds one experience price. */
  lemma SubtotalPerPerson(x: ExperienceRef, p: int)
    requires p >= 1
    ensures Subtotal(x, Some(p + 1)) == Subtotal(x, Some(p)) + PriceOf(x)
  {
    assert PriceOf(x) * (p + 1) == PriceOf(x) * p + PriceOf(x);
  }

  /** What the booking wizard hands over makes the subtotal 0: it sends the
      experience as its id string, which has no price. */
  lemma WizardHandoffSubtotalZero(f: BookingPage.WizardForm)
    ensures Subtotal(IdString(f.experience), Some(f.participants)) == 0
  {
  }

  // ------------------------------------------------------------------ state

  /** A value in `cardDetails`: typed text, or a checkbox state. */
  datatype FieldValue = TextValue(text: string) | Checked(on: bool)

  function InitialCardDetails(): (d: map<string, FieldValue>)
    ensures d.Keys == {"cardNumber", "cardName", "expiryDate", "cvv", "saveCard"}
  {
    map["cardNumber" := TextValue(""), "cardName" := TextValue(""), "expiryDate" := TextValue(""),
        "cvv" := TextValue(""), "saveCard" := Checked(false)]
  }

  /** The page's state. */
  class PaymentForm {
    var paymentMethod: string
    var cardDetails: map<string, FieldValue>
    var isProcessing: bool
    var paymentComplete: bool

    constructor ()
      ensures paymentMethod == "creditCard" && cardDetails == InitialCardDetails()
      ensures !isProcessing && !paymentComplete
    {
      paymentMethod := "creditCard";
      cardDetails := InitialCardDetails();
      isProcessing := false;
      paymentComplete := false;
    }

    /** `handleInputChange`: only the named entry changes, to `checked` for
        a checkbox and to `value` otherwise. */
    method HandleInputChange(name: string, isCheckbox: bool, value: string, checked: bool)
      modifies this
      ensures cardDetails == old(cardDetails)[name := if isCheckbox then Checked(checked) else TextValue(value)]
      ensures forall k | k in old(cardDetails) && k != name :: k in cardDetails && cardDetails[k] == old(cardDetails)[k]
      ensures paymentMethod == old(paymentMethod) && isProcessing == old(isProcessing)
      ensures paymentComplete == old(paymentComplete)
    {
      cardDetails := cardDetails[name := if isCheckbox then Checked(checked) else TextValue(value)];
    }

    /** `handleCardNumberChange`: store the formatted number. */
    method HandleCardNumberChange(value: string)
      modifies this
      ensures cardDetails == old(cardDetails)["cardNumber" := TextValue(CardFormatted(value))]
      ensures paymentMethod == old(paymentMethod) && isProcessing == old(isProcessing)
      ensures paymentComplete == old(paymentComplete)
    {
      var formatted := FormatCardNumber(value);
      cardDetails := cardDetails["cardNumber" := TextValue(formatted)];
    }

    /** `handleExpiryDateChange`: store the formatted expiry date. */
    method HandleExpiryDateChange(value: string)
      modifies this
      ensures cardDetails == old(cardDetails)["expiryDate" := TextValue(FormatExpiry(value))]
      ensures paymentMethod == old(paymentMethod) && isProcessing == old(isProcessing)
      ensures paymentComplete == old(paymentComplete)
    {
      cardDetails := cardDetails["expiryDate" := TextValue(FormatExpiry(value))];
    }

    /** One of the three method buttons. */
    method SelectPaymentMethod(m: string)
      modifies this
      ensures paymentMethod == m
      ensures cardDetails == old(cardDetails) && isProcessing == old(isProcessing)
      ensures paymentComplete == old(paymentComplete)
    {
      paymentMethod := m;
    }

    /** `handleSubmit`: processing starts; nothing is checked. */
    method Submit()
      modifies this
      ensures isProcessing && paymentComplete == old(paymentComplete)
      ensures cardDetails == old(cardDetails) && paymentMethod == old(paymentMethod)
    {
      isProcessing := true;
    }

    /** The timer set by `handleSubmit` fires: the payment is complete.
        There is no failure outcome. */
    method PaymentTimerFires()
      modifies this
      ensures !isProcessing && paymentComplete
      ensures cardDetails == old(cardDetails) && paymentMethod == old(paymentMethod)
    {
      isProcessing := false;
      paymentComplete := true;
    }
  }
}
